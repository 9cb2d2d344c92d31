/** Panning and zooming the time axis around the selected run. */
module Zoom {
  import opened Wrappers
  import opened Samples
  import opened TimelineState

  /** Sets the explicit limits of the time axis; `None` for both lets the chart fit the data. */
  function PanTo(t: Timeline, start: Option<real>, end: Option<real>): (r: Timeline)
    ensures t.xAxis.None? ==> r == t
    ensures t.xAxis.Some? ==> r.xAxis.Some? && r.xAxis.value.minLimit == start && r.xAxis.value.maxLimit == end
    ensures t.xAxis.Some? ==> r.xAxis.value.dataMin == t.xAxis.value.dataMin && r.xAxis.value.dataMax == t.xAxis.value.dataMax
    ensures r.(xAxis := t.xAxis) == t
  {
    match t.xAxis
    case None => t
    case Some(x) => t.(xAxis := Some(x.(minLimit := start, maxLimit := end)))
  }

  /** Clears the explicit limits. */
  function ResetZoom(t: Timeline): (r: Timeline)
    ensures r.xAxis.None? <==> t.xAxis.None?
    ensures r.xAxis.Some? ==> r.xAxis.value.minLimit.None? && r.xAxis.value.maxLimit.None?
    ensures r.xAxis.Some? ==> r.xAxis.value.dataMin == t.xAxis.value.dataMin && r.xAxis.value.dataMax == t.xAxis.value.dataMax
    ensures r.(xAxis := t.xAxis) == t
  {
    PanTo(t, None, None)
  }

  /** The width of the window a zoom scales: the explicit window when both limits are set,
      otherwise the extent of the visible data. */
  function CurrentWidth(x: Axis): (w: real)
    ensures x.minLimit.Some? && x.maxLimit.Some? ==>
      Window(x, (x.minLimit.value + x.maxLimit.value) / 2.0, w)
    ensures x.minLimit.None? || x.maxLimit.None? ==> w == x.dataMax - x.dataMin
  {
    if x.minLimit.None? || x.maxLimit.None? then x.dataMax - x.dataMin
    else x.maxLimit.value - x.minLimit.value
  }

  /** The axis shows the explicit window centred on `centre` and `width` wide. */
  predicate Window(x: Axis, centre: real, width: real) {
    && x.minLimit.Some? && x.maxLimit.Some?
    && (x.minLimit.value + x.maxLimit.value) / 2.0 == centre
    && x.maxLimit.value - x.minLimit.value == width
  }

  /** Zooms by `scale` around the selected run: the new window is centred on its date and
      `scale` times as wide as the current one. Without a selection or an axis nothing happens. */
  function ZoomOn(t: Timeline, scale: real): (r: Timeline)
    requires Valid(t)
    ensures t.selected.None? || t.xAxis.None? ==> r == t
    ensures t.selected.Some? && t.xAxis.Some? ==>
      && r.xAxis.Some?
      && Window(r.xAxis.value, SelectedSample(t).date, CurrentWidth(t.xAxis.value) * scale)
      && r.xAxis.value.dataMin == t.xAxis.value.dataMin && r.xAxis.value.dataMax == t.xAxis.value.dataMax
    ensures r.(xAxis := t.xAxis) == t
    ensures Valid(r)
  {
    if t.selected.None? || t.xAxis.None? then t
    else
      var range := CurrentWidth(t.xAxis.value) * scale * 0.5;
      var date := SelectedSample(t).date;
      PanTo(t, Some(date - range), Some(date + range))
  }

  /** Zooming in halves the window around the selected run. */
  function ZoomInOn(t: Timeline): (r: Timeline)
    requires Valid(t)
    ensures t.selected.Some? && t.xAxis.Some? ==>
      r.xAxis.Some? && Window(r.xAxis.value, SelectedSample(t).date, CurrentWidth(t.xAxis.value) / 2.0)
    ensures t.selected.None? || t.xAxis.None? ==> r == t
    ensures Valid(r) && r.(xAxis := t.xAxis) == t
  {
    ZoomOn(t, 0.5)
  }

  /** Zooming out doubles the window around the selected run. */
  function ZoomOutOn(t: Timeline): (r: Timeline)
    requires Valid(t)
    ensures t.selected.Some? && t.xAxis.Some? ==>
      r.xAxis.Some? && Window(r.xAxis.value, SelectedSample(t).date, CurrentWidth(t.xAxis.value) * 2.0)
    ensures t.selected.None? || t.xAxis.None? ==> r == t
    ensures Valid(r) && r.(xAxis := t.xAxis) == t
  {
    ZoomOn(t, 2.0)
  }

  /** Resetting twice is resetting once. */
  lemma ResetZoomIdempotent(t: Timeline)
    ensures ResetZoom(ResetZoom(t)) == ResetZoom(t)
  {
  }

  /** A window is fixed by its centre and width, so the contract of `ZoomOn` determines its result. */
  lemma ZoomedAxis(t: Timeline, scale: real)
    requires Valid(t) && t.selected.Some? && t.xAxis.Some?
    ensures var d := SelectedSample(t).date;
      var half := CurrentWidth(t.xAxis.value) * scale / 2.0;
      ZoomOn(t, scale) == t.(xAxis := Some(t.xAxis.value.(minLimit := Some(d - half), maxLimit := Some(d + half))))
  {
    var r := ZoomOn(t, scale);
    var d := SelectedSample(t).date;
    var half := CurrentWidth(t.xAxis.value) * scale / 2.0;
    var x := r.xAxis.value;
    assert Window(x, d, CurrentWidth(t.xAxis.value) * scale);
    assert x.minLimit.value == d - half;
    assert x.maxLimit.value == d + half;
    assert x == t.xAxis.value.(minLimit := Some(d - half), maxLimit := Some(d + half));
    assert r == t.(xAxis := r.xAxis);
  }

  /** Zooming compounds: the second zoom scales the window the first one set, so two zooms are
      one zoom by the product of the scales. */
  lemma ZoomCompounds(t: Timeline, s1: real, s2: real)
    requires Valid(t)
    ensures ZoomOn(ZoomOn(t, s1), s2) == ZoomOn(t, s1 * s2)
  {
    if t.selected.Some? && t.xAxis.Some? {
      var once := ZoomOn(t, s1);
      var s12 := s1 * s2;
      var d := SelectedSample(t).date;
      var half := CurrentWidth(t.xAxis.value) * s12 / 2.0;
      var x := Some(t.xAxis.value.(minLimit := Some(d - half), maxLimit := Some(d + half)));
      ZoomedAxis(t, s12);
      assert ZoomOn(t, s12) == t.(xAxis := x);
      ZoomedAxis(t, s1);
      ZoomedAxis(once, s2);
      var d2 := SelectedSample(once).date;
      var h2 := CurrentWidth(once.xAxis.value) * s2 / 2.0;
      assert ZoomOn(once, s2) == once.(xAxis := Some(once.xAxis.value.(minLimit := Some(d2 - h2), maxLimit := Some(d2 + h2))));
      assert d2 == d && h2 == half;
      assert once == t.(xAxis := once.xAxis);
    }
  }

  /** Zooming in and back out restores the width but centres the window on the selected run,
      with explicit limits; it returns to the start exactly when the start already showed that window. */
  lemma ZoomInThenOut(t: Timeline)
    requires Valid(t) && t.selected.Some? && t.xAxis.Some?
    ensures var r := ZoomOutOn(ZoomInOn(t));
      r.xAxis.Some? && Window(r.xAxis.value, SelectedSample(t).date, CurrentWidth(t.xAxis.value))
    ensures ZoomOutOn(ZoomInOn(t)) == t <==> Window(t.xAxis.value, SelectedSample(t).date, CurrentWidth(t.xAxis.value))
  {
    ZoomCompounds(t, 0.5, 2.0);
  }

  /** Resetting after any zoom or pan gives the fitted view, as resetting alone does. */
  lemma ResetForgetsZoom(t: Timeline, scale: real, start: Option<real>, end: Option<real>)
    requires Valid(t)
    ensures ResetZoom(ZoomOn(t, scale)) == ResetZoom(t)
    ensures ResetZoom(PanTo(t, start, end)) == ResetZoom(t)
  {
  }
}
