/** The pointer handlers of the timeline page: point creation, hover, hover lost and click. */
module Interaction {
  import opened Wrappers
  import opened Styles
  import opened Samples
  import opened TimelineState

  /** What a pointer event carries: the run (its dataset position; `None` for a null model) and
      whether the geometry is present. A `None` argument is a null point. */
  datatype PointerTarget = PointerTarget(model: Option<nat>, hasVisual: bool)

  /** The dataset position an event acts on, or `None` when the event must be ignored. */
  function Target(t: Timeline, arg: Option<PointerTarget>): (r: Option<nat>)
    ensures r.Some? <==>
      arg.Some? && arg.value.hasVisual && arg.value.model.Some? && arg.value.model.value < |t.points|
    ensures r.Some? ==> r == arg.value.model && r.value < |t.points|
  {
    if arg.Some? && arg.value.hasVisual && arg.value.model.Some? && arg.value.model.value < |t.points|
    then arg.value.model
    else None
  }

  /** Point creation: the new geometry gets the status style. */
  function OnPointCreated(t: Timeline, arg: Option<PointerTarget>): (r: Timeline)
    ensures Target(t, arg).None? ==> r == t
    ensures Target(t, arg).Some? ==>
      var i := Target(t, arg).value;
      && OnlyPointChanged(t, r, i)
      && r.points[i].model == t.points[i].model
      && r.points[i].visual == StatusVisual(t.points[i].model.data.status)
      && r == t.(points := r.points)
  {
    match Target(t, arg)
    case None => t
    case Some(i) =>
      t.(points := t.points[i := t.points[i].(visual := StatusVisual(t.points[i].model.data.status))])
  }

  /** Hover: flag the run as hovered and fill its geometry with the emphasis colour. */
  function OnPointerHover(t: Timeline, arg: Option<PointerTarget>): (r: Timeline)
    ensures Target(t, arg).None? ==> r == t
    ensures Target(t, arg).Some? ==>
      var i := Target(t, arg).value;
      && OnlyPointChanged(t, r, i)
      && r.points[i].model == t.points[i].model.(isHoverOn := true)
      && r.points[i].visual == t.points[i].visual.(fill := Some(EmphasisFill))
      && r.redraws == t.redraws + 1
    ensures r.selected == t.selected && r.sections == t.sections && r.clicked == t.clicked
    ensures r.xAxis == t.xAxis && r.series == t.series
    ensures Valid(t) ==> Valid(r)
  {
    match Target(t, arg)
    case None => t
    case Some(i) =>
      var p := t.points[i];
      t.(points := t.points[i := ChartPoint(p.model.(isHoverOn := true), p.visual.(fill := Some(EmphasisFill)))],
         redraws := t.redraws + 1)
  }

  /** Hover lost: clear the flag and restore the status fill and stroke. */
  function OnPointerHoverLost(t: Timeline, arg: Option<PointerTarget>): (r: Timeline)
    ensures Target(t, arg).None? ==> r == t
    ensures Target(t, arg).Some? ==>
      var i := Target(t, arg).value;
      && OnlyPointChanged(t, r, i)
      && r.points[i].model == t.points[i].model.(isHoverOn := false)
      && r.points[i].visual == StatusVisual(t.points[i].model.data.status)
      && r.redraws == t.redraws + 1
    ensures r.selected == t.selected && r.sections == t.sections && r.clicked == t.clicked
    ensures r.xAxis == t.xAxis && r.series == t.series
    ensures Valid(t) ==> Valid(r)
  {
    match Target(t, arg)
    case None => t
    case Some(i) =>
      var p := t.points[i];
      t.(points := t.points[i := ChartPoint(p.model.(isHoverOn := false), StatusVisual(p.model.data.status))],
         redraws := t.redraws + 1)
  }

  /** Click: takes effect only on a hovered run. It then becomes the selection, its id is reported,
      the marker moves to its date and its geometry is filled with the selection colour. */
  function OnPointerDown(t: Timeline, arg: Option<PointerTarget>): (r: Timeline)
    ensures Target(t, arg).None? ==> r == t
    ensures Target(t, arg).Some? && !t.points[Target(t, arg).value].model.isHoverOn ==> r == t
    ensures Target(t, arg).Some? && t.points[Target(t, arg).value].model.isHoverOn ==>
      var i := Target(t, arg).value;
      var s := t.points[i].model.data;
      && r.selected == Some(i)
      && r.clicked == t.clicked + [s.id]
      && r.sections == Some([Marker(s.date)])
      && r.sections.value[0].xi == s.date && r.sections.value[0].xj == s.date
      && OnlyPointChanged(t, r, i)
      && r.points[i].model == t.points[i].model
      && r.points[i].visual == t.points[i].visual.(fill := Some(SelectedFill))
      && r.redraws == t.redraws + 1
      && r.xAxis == t.xAxis && r.series == t.series
    ensures Valid(t) ==> Valid(r)
  {
    match Target(t, arg)
    case None => t
    case Some(i) =>
      var p := t.points[i];
      if !p.model.isHoverOn then t
      else
        t.(selected := Some(i),
           clicked := t.clicked + [p.model.data.id],
           sections := Some([Marker(p.model.data.date)]),
           points := t.points[i := p.(visual := p.visual.(fill := Some(SelectedFill)))],
           redraws := t.redraws + 1)
  }

  /** The page with its redraw counter ignored: what the user sees once the chart has redrawn. */
  function Shown(t: Timeline): Timeline {
    t.(redraws := 0)
  }

  /** Hovering twice shows the same as hovering once. */
  lemma HoverIdempotent(t: Timeline, arg: Option<PointerTarget>)
    ensures Shown(OnPointerHover(OnPointerHover(t, arg), arg)) == Shown(OnPointerHover(t, arg))
  {
    var once := OnPointerHover(t, arg);
    var twice := OnPointerHover(once, arg);
    if Target(t, arg).Some? {
      var i := Target(t, arg).value;
      assert Target(once, arg) == Some(i);
      assert twice.points == once.points;
    }
  }

  /** Hover followed by hover lost gives back a styled point exactly, with its flag cleared. */
  lemma HoverThenLostRestores(t: Timeline, arg: Option<PointerTarget>)
    requires Target(t, arg).Some?
    requires var i := Target(t, arg).value; t.points[i].visual == StatusVisual(t.points[i].model.data.status)
    ensures var i := Target(t, arg).value;
      OnPointerHoverLost(OnPointerHover(t, arg), arg).points
        == t.points[i := t.points[i].(model := t.points[i].model.(isHoverOn := false))]
  {
    var i := Target(t, arg).value;
    var hovered := OnPointerHover(t, arg);
    assert Target(hovered, arg) == Some(i);
  }

  /** A click takes effect exactly when it lands on a present, hovered run: a click after the
      pointer left the run changes nothing, a click right after hovering it selects it. */
  lemma ClickNeedsHover(t: Timeline, arg: Option<PointerTarget>)
    ensures OnPointerDown(OnPointerHoverLost(t, arg), arg) == OnPointerHoverLost(t, arg)
    ensures Target(t, arg).Some? ==>
      OnPointerDown(OnPointerHover(t, arg), arg).selected == Target(t, arg)
    ensures OnPointerDown(t, arg) != t ==> Target(t, arg).Some? && t.points[Target(t, arg).value].model.isHoverOn
  {
    if Target(t, arg).Some? {
      var i := Target(t, arg).value;
      assert Target(OnPointerHoverLost(t, arg), arg) == Some(i);
      assert Target(OnPointerHover(t, arg), arg) == Some(i);
    }
  }

  /** Each effective click reports exactly one id, the clicked run's; hovering reports nothing. */
  lemma ClickReportsOnce(t: Timeline, arg: Option<PointerTarget>)
    ensures var r := OnPointerDown(t, arg);
      && |r.clicked| == |t.clicked| + (if r == t then 0 else 1)
      && (r != t ==> r.clicked[|t.clicked|] == t.points[Target(t, arg).value].model.data.id)
    ensures |OnPointerHover(t, arg).clicked| == |t.clicked| && |OnPointerHoverLost(t, arg).clicked| == |t.clicked|
  {
  }

  /** A selection survives the pointer moving over and off any run, and so does its marker. */
  lemma SelectionSurvivesHover(t: Timeline, click: Option<PointerTarget>, other: Option<PointerTarget>)
    requires Valid(t)
    requires Target(t, click).Some? && t.points[Target(t, click).value].model.isHoverOn
    ensures var selected := OnPointerDown(t, click);
      var after := OnPointerHoverLost(OnPointerHover(selected, other), other);
      && after.selected == selected.selected == Target(t, click)
      && after.sections == selected.sections
      && Valid(after)
  {
  }

  /** A freshly created point comes back to its created state after the pointer passes over it:
      hover then hover lost only clears the hover flag. */
  lemma CreatedThenHoverRestores(t: Timeline, arg: Option<PointerTarget>)
    ensures var created := OnPointCreated(t, arg);
      var passed := OnPointerHoverLost(OnPointerHover(created, arg), arg);
      var i := Target(t, arg);
      && (i.None? ==> passed == created)
      && (i.Some? ==>
            passed.points == created.points[i.value := created.points[i.value].(model := created.points[i.value].model.(isHoverOn := false))])
      && (i.Some? && !t.points[i.value].model.isHoverOn ==> passed.points == created.points)
  {
    var created := OnPointCreated(t, arg);
    assert Target(created, arg) == Target(t, arg);
    if Target(t, arg).Some? {
      HoverThenLostRestores(created, arg);
    }
  }
}
