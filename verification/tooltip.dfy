/** The tooltip: one date row and one status row per run under the pointer. */
module Tooltip {
  import opened Wrappers
  import opened Styles
  import opened Samples
  import opened Overlays

  /** The layer the tooltip paints on, above the chart's content. */
  const TooltipZ: int := 10100

  const BackgroundPaint: Paint := Paint(Rgb(28, 49, 58), Some(TooltipZ), None)
  const FontPaint: Paint := Paint(Rgb(230, 230, 230), Some(TooltipZ + 1), None)

  /** The tooltip's outer panel, created on first use and then kept. */
  datatype Tooltip = Tooltip(panel: Option<StackPanel>)

  const NoTooltip: Tooltip := Tooltip(None)

  /** The outer panel as it is created: vertical, padded, on the dark background. */
  const FreshPanel: StackPanel :=
    StackPanel(RoundedRectangle, Some(Vertical), Some(Uniform(5.0)), Some(Middle), Some(Start),
               None, None, Some(BackgroundPaint), [], 0.0, 0.0)

  /** A point the chart found under the pointer: the run behind it, or `None` when the point,
      its context or its data source is missing. */
  type Found = Option<Sample>

  function RowLabel(text: Text): Node {
    Label(text, FontPaint, 15.0, Padding(8.0, 0.0, 0.0, 0.0), Start, Start)
  }

  function Row(children: seq<Node>): Node {
    Panel(StackPanel(RoundedRectangle, None, Some(Axes(0.0, 4.0)), Some(Start), Some(Start),
                     None, None, None, children, 0.0, 0.0))
  }

  /** The first row of a run: its date and time. */
  function DateRow(s: Sample): (n: Node)
    ensures n.Panel? && |n.panel.children| == 1
    ensures n.panel.children[0].Label? && n.panel.children[0].text == DateTimeText(s.date)
    ensures n.panel.children[0].paint == FontPaint
  {
    Row([RowLabel(DateTimeText(s.date))])
  }

  /** The second row of a run: its status icon, above the tooltip background, then "id(status)". */
  function StatusRow(s: Sample): (n: Node)
    ensures n.Panel? && |n.panel.children| == 2
    ensures n.panel.children[0].Icon? && n.panel.children[0].locationUnit == Some(Pixels)
    ensures n.panel.children[0].width == 20.0 && n.panel.children[0].height == 20.0
    ensures n.panel.children[0].style == FillAndStroke(s.status, TooltipZ)
    ensures s.status in NamedStatuses ==>
      && n.panel.children[0].style.fill.value.zIndex.value > BackgroundPaint.zIndex.value
      && n.panel.children[0].style.stroke.value.zIndex.value > BackgroundPaint.zIndex.value
    ensures n.panel.children[1].Label? && n.panel.children[1].text == IdStatusText(s.id, s.status)
  {
    Row([Icon(20.0, 20.0, Some(Pixels), FillAndStroke(s.status, TooltipZ)), RowLabel(IdStatusText(s.id, s.status))])
  }

  /** The runs behind the found points, in order, skipping points without one. */
  function Present(found: seq<Found>): (ss: seq<Sample>)
    ensures |ss| == |found| - multiset(found)[None]
    ensures forall s :: s in ss <==> Some(s) in found
  {
    if found == [] then []
    else
      var rest := Present(found[1..]);
      assert found == [found[0]] + found[1..];
      match found[0]
      case None => rest
      case Some(s) => [s] + rest
  }

  /** The rows built for the found points, in order. */
  function Rows(found: seq<Found>): (rows: seq<Node>)
    ensures |rows| == 2 * |Present(found)|
  {
    if found == [] then []
    else
      match found[0]
      case None => Rows(found[1..])
      case Some(s) => [DateRow(s), StatusRow(s)] + Rows(found[1..])
  }

  /** Row `2k` is the date row and row `2k + 1` the status row of the `k`-th run found. */
  lemma {:induction false} RowsShape(found: seq<Found>)
    ensures RowsFollow(Present(found), Rows(found))
    decreases |found|
  {
    if found != [] {
      var rest := found[1..];
      RowsShape(rest);
      if found[0].Some? {
        var s := found[0].value;
        assert Present(found) == [s] + Present(rest);
        assert Rows(found) == [DateRow(s), StatusRow(s)] + Rows(rest);
        RowsFollowCons(s, Present(rest), Rows(rest));
      } else {
        assert Present(found) == Present(rest) && Rows(found) == Rows(rest);
      }
    }
  }

  /** Row `2k` is the date row and row `2k + 1` the status row of the `k`-th run. */
  ghost predicate RowsFollow(ss: seq<Sample>, rows: seq<Node>) {
    && |rows| == 2 * |ss|
    && forall k :: 0 <= k < |ss| ==> rows[2 * k] == DateRow(ss[k]) && rows[2 * k + 1] == StatusRow(ss[k])
  }

  /** Putting a run's two rows in front of the rows of later runs keeps them in step. */
  lemma RowsFollowCons(s: Sample, ss: seq<Sample>, rows: seq<Node>)
    requires RowsFollow(ss, rows)
    ensures RowsFollow([s] + ss, [DateRow(s), StatusRow(s)] + rows)
  {
    var ss', rows' := [s] + ss, [DateRow(s), StatusRow(s)] + rows;
    forall k | 1 <= k < |ss'|
      ensures rows'[2 * k] == DateRow(ss'[k]) && rows'[2 * k + 1] == StatusRow(ss'[k])
    {
      assert ss'[k] == ss[k - 1];
      assert rows'[2 * k] == rows[2 * (k - 1)];
    }
  }

  /** Shows the tooltip for `found`. The outer panel is created if it does not exist yet; its old
      rows are removed from it and dropped from the chart; the new rows are added; the panel is
      measured, placed where the chart's tooltip placement puts a box of that size, and drawn. */
  function Show(t: Tooltip, found: seq<Found>, c: Chart, measure: Node -> Size, locate: Size -> Location): (r: (Tooltip, Chart))
    ensures r.0.panel.Some?
    ensures Settings(r.0.panel.value) == Settings(t.panel.GetOr(FreshPanel))
    ensures r.0.panel.value.children == Rows(found)
    ensures var p := r.0.panel.value; var prior := t.panel.GetOr(FreshPanel);
      Location(p.x, p.y) == locate(measure(Panel(p.(x := prior.x, y := prior.y))))
    ensures r.1.dropped == c.dropped + (if t.panel.Some? then t.panel.value.children else [])
    ensures r.1.overlays == c.overlays + {TooltipOverlay}
    ensures r.1.legendPosition == c.legendPosition && r.1.controlSize == c.controlSize
  {
    var outer := t.panel.GetOr(FreshPanel);
    var cleared := RemoveChildren(c, outer.children);
    var filled := outer.(children := Rows(found));
    var at := locate(measure(Panel(filled)));
    (Tooltip(Some(filled.(x := at.x, y := at.y))), AddVisual(cleared, TooltipOverlay))
  }

  /** Hides the tooltip; with no panel (or no chart) nothing happens. */
  function Hide(t: Tooltip, c: Option<Chart>): (r: Option<Chart>)
    ensures c.None? || t.panel.None? ==> r == c
    ensures c.Some? && t.panel.Some? ==>
      r.Some? && r.value.overlays == c.value.overlays - {TooltipOverlay} && r.value.(overlays := c.value.overlays) == c.value
  {
    if c.None? || t.panel.None? then c
    else Some(RemoveVisual(c.value, TooltipOverlay))
  }

  /** After two calls only the second call's rows remain; the first call's rows were dropped
      from the chart, and the outer panel was created at most once. */
  lemma ShowTwice(t: Tooltip, first: seq<Found>, second: seq<Found>, c: Chart,
                  measure: Node -> Size, locate: Size -> Location)
    ensures var (t1, c1) := Show(t, first, c, measure, locate);
      var (t2, c2) := Show(t1, second, c1, measure, locate);
      && t2.panel.value.children == Rows(second)
      && c2.dropped == c.dropped + (if t.panel.Some? then t.panel.value.children else []) + Rows(first)
      && Settings(t2.panel.value) == Settings(t.panel.GetOr(FreshPanel))
  {
  }

  /** Points without a run add nothing; each run adds exactly its two rows. */
  lemma RowsSkipMissing(found: seq<Found>, s: Sample)
    ensures Rows([None] + found) == Rows(found)
    ensures Rows([Some(s)] + found) == [DateRow(s), StatusRow(s)] + Rows(found)
  {
    assert ([None] + found)[1..] == found;
    assert ([Some(s)] + found)[1..] == found;
  }

  /** Hiding after showing removes the tooltip and leaves the other overlays as they were. */
  lemma ShowThenHide(t: Tooltip, found: seq<Found>, c: Chart, measure: Node -> Size, locate: Size -> Location)
    ensures var (t1, c1) := Show(t, found, c, measure, locate);
      var h := Hide(t1, Some(c1));
      h.Some? && TooltipOverlay !in h.value.overlays && h.value.overlays == c.overlays - {TooltipOverlay}
  {
  }

  /** `Present` works point by point: a missing run contributes nothing, a run contributes itself,
      and the runs of a concatenation are the runs of its parts in order. */
  lemma {:induction false} PresentAppend(f1: seq<Found>, f2: seq<Found>, s: Sample)
    ensures Present([None]) == [] && Present([Some(s)]) == [s]
    ensures Present(f1 + f2) == Present(f1) + Present(f2)
    decreases |f1|
  {
    if f1 != [] {
      assert (f1 + f2)[1..] == f1[1..] + f2;
      PresentAppend(f1[1..], f2, s);
    } else {
      assert f1 + f2 == f2;
    }
  }

  /** The first tooltip creates the outer panel with its initial settings and drops nothing. */
  lemma FirstShow(found: seq<Found>, c: Chart, measure: Node -> Size, locate: Size -> Location)
    ensures var (t1, c1) := Show(NoTooltip, found, c, measure, locate);
      && Settings(t1.panel.value) == Settings(FreshPanel)
      && t1.panel.value.box == RoundedRectangle
      && t1.panel.value.orientation == Some(Vertical) && t1.panel.value.padding == Some(Uniform(5.0))
      && t1.panel.value.vAlign == Some(Middle) && t1.panel.value.hAlign == Some(Start)
      && t1.panel.value.background == Some(BackgroundPaint)
      && c1.dropped == c.dropped
  {
  }
}
